/**
 * The per-character equip state machine and the mesh-combine bookkeeping.
 *
 * The manager keeps four dictionaries keyed by category: the skinned renderer
 * worn in each body category, the hair prop, the body parts each category's
 * current item hid (the log that restoring undoes), and the record last
 * equipped in each category (replayed to undo a combine).
 *
 * Engine objects are abstract: every instantiated object gets the next id of a
 * counter (its index in `spawned`), destroying removes it from `alive`, and
 * the activity of body parts is the map `partActive`.
 */
module Customize {
  import opened Wrappers
  import opened Clothing
  import opened Catalog
  import opened Rig
  import opened BodyParts
  import opened MeshCombine

  type ObjectId = nat

  /** An object the manager instantiated. */
  datatype Instance =
    | SkinnedInstance(prefab: SkinnedPrefab, parent: Option<ModelId>, bones: seq<BoneId>, rootBone: Option<BoneId>)
    | HairInstance(hairPrefab: HairPrefab, slot: Option<SlotId>)

  datatype Exception = NullReference | IndexOutOfRange

  /** How a public operation ended: normally, by logging a missing binder, or by an exception. */
  datatype Outcome = Completed | MissingBinder | Threw(error: Exception)

  /** What combining reads from a skinned instance. */
  function ViewOf(inst: Instance): (v: RendererView)
    requires inst.SkinnedInstance?
    ensures v.sharedMesh == inst.prefab.sharedMesh && v.bones == inst.bones
  {
    RendererView(inst.prefab.sharedMesh, inst.prefab.sharedMaterials, inst.bones)
  }

  /** The categories respawned when a combined mesh is broken up: every recorded one but Hair. */
  function RespawnCategories(equipped: map<Category, ClothingRecord>): (cats: set<Category>)
    ensures forall c :: c in cats <==> c in equipped && c != Hair
  {
    equipped.Keys - {Hair}
  }

  /** `order` lists every key exactly once: an enumeration order of a dictionary. */
  predicate IsEnumeration(order: seq<Category>, keys: set<Category>) {
    && (forall c :: c in order <==> c in keys)
    && (forall i, j :: 0 <= i < j < |order| ==> order[i] != order[j])
  }

  /** The worn renderers in enumeration order, as the combiner sees them. */
  function Views(order: seq<Category>, renderers: map<Category, ObjectId>, spawned: seq<Instance>): (vs: seq<RendererView>)
    requires forall c :: c in order ==> c in renderers && renderers[c] < |spawned| && spawned[renderers[c]].SkinnedInstance?
    ensures |vs| == |order|
  {
    seq(|order|, k requires 0 <= k < |order| => ViewOf(spawned[renderers[order[k]]]))
  }

  function CopyOf(r: ClothingRecord, parent: Option<ModelId>, base: BaseBody, root: Option<BoneId>): Instance
    requires r.clothingPrefab.Some?
  {
    SkinnedInstance(r.clothingPrefab.value, parent, base.bones, root)
  }

  /**
   * Every held object is alive, of the right kind and held once; skinned
   * renderers are never Hair and the hair map holds only Hair.
   */
  ghost predicate ObjectsValid(renderers: map<Category, ObjectId>, hair: map<Category, ObjectId>,
                               spawned: seq<Instance>, alive: set<ObjectId>)
  {
    && (forall i :: i in alive ==> i < |spawned|)
    && Hair !in renderers
    && (forall c :: c in renderers ==> renderers[c] in alive && spawned[renderers[c]].SkinnedInstance?)
    && (forall c, d :: c in renderers && d in renderers && c != d ==> renderers[c] != renderers[d])
    && (forall c :: c in hair ==> c == Hair && hair[c] in alive && spawned[hair[c]].HairInstance?)
  }

  /** Each recorded item sits under its own category and can be respawned. */
  ghost predicate RecordsValid(equipped: map<Category, ClothingRecord>) {
    forall c :: c in equipped ==> equipped[c].category == c && Spawnable(equipped[c])
  }

  /** The objects a category map holds. */
  function Ids(m: map<Category, ObjectId>): set<ObjectId> {
    set c | c in m :: m[c]
  }

  /** Adding a new key adds its object. */
  lemma IdsAdd(m: map<Category, ObjectId>, c: Category, id: ObjectId)
    requires c !in m
    ensures Ids(m[c := id]) == Ids(m) + {id}
  {
    var m' := m[c := id];
    forall x | x in Ids(m') ensures x in Ids(m) + {id} {
      var d :| d in m' && m'[d] == x;
      if d != c {
        assert d in m && m[d] == x;
      }
    }
    forall x | x in Ids(m) + {id} ensures x in Ids(m') {
      if x == id {
        assert m'[c] == id;
      } else {
        var d :| d in m && m[d] == x;
        assert d in m' && m'[d] == x;
      }
    }
  }

  /**
   * `renderers` holds one freshly spawned copy of every recorded item of the
   * categories `done`, all of them alive, and nothing else was destroyed.
   */
  ghost predicate RespawnedOn(done: set<Category>, renderers: map<Category, ObjectId>, equipped: map<Category, ClothingRecord>,
                              spawned0: seq<Instance>, spawned: seq<Instance>, alive0: set<ObjectId>, alive: set<ObjectId>,
                              parent: Option<ModelId>, base: BaseBody, root: Option<BoneId>)
  {
    && RecordsValid(equipped)
    && done <= RespawnCategories(equipped)
    && spawned0 <= spawned
    && renderers.Keys == done
    && (forall c :: c in renderers ==>
          |spawned0| <= renderers[c] < |spawned| && spawned[renderers[c]] == CopyOf(equipped[c], parent, base, root))
    && alive == alive0 + Ids(renderers)
  }

  /** Every recorded item but Hair has been respawned (see RespawnedOn). */
  ghost predicate Respawned(renderers: map<Category, ObjectId>, equipped: map<Category, ClothingRecord>,
                            spawned0: seq<Instance>, spawned: seq<Instance>, alive0: set<ObjectId>, alive: set<ObjectId>,
                            parent: Option<ModelId>, base: BaseBody, root: Option<BoneId>)
  {
    RespawnedOn(RespawnCategories(equipped), renderers, equipped, spawned0, spawned, alive0, alive, parent, base, root)
  }

  /** Spawning a copy of one more recorded item extends a partial respawn by its category. */
  lemma {:induction false} RespawnOne(c: Category, done: set<Category>, renderers: map<Category, ObjectId>,
                                      equipped: map<Category, ClothingRecord>,
                                      spawned0: seq<Instance>, spawned: seq<Instance>, alive0: set<ObjectId>, alive: set<ObjectId>,
                                      parent: Option<ModelId>, base: BaseBody, root: Option<BoneId>)
    requires RespawnedOn(done, renderers, equipped, spawned0, spawned, alive0, alive, parent, base, root)
    requires c in RespawnCategories(equipped) && c !in done
    ensures RespawnedOn(done + {c}, renderers[c := |spawned|], equipped, spawned0,
                        spawned + [CopyOf(equipped[c], parent, base, root)], alive0, alive + {|spawned|}, parent, base, root)
  {
    IdsAdd(renderers, c, |spawned|);
    var spawned' := spawned + [CopyOf(equipped[c], parent, base, root)];
    assert spawned0 <= spawned';
    forall d | d in renderers
      ensures spawned'[renderers[d]] == spawned[renderers[d]]
    {
    }
  }

  /** The objects a category map holds for the categories `cats`. */
  function Occ(m: map<Category, ObjectId>, cats: set<Category>): set<ObjectId> {
    set c | c in cats && c in m :: m[c]
  }

  /** Renderers of the categories `removed` are gone from the map and destroyed. */
  ghost predicate Removed(ar0: map<Category, ObjectId>, alive0: set<ObjectId>, removed: set<Category>,
                               ar: map<Category, ObjectId>, alive: set<ObjectId>)
  {
    ar == ar0 - removed && alive == alive0 - Occ(ar0, removed)
  }

  /** Removing the renderers of two categories in turn removes the pair. */
  lemma RemovePair(ar0: map<Category, ObjectId>, alive0: set<ObjectId>, a: Category,
                       ar1: map<Category, ObjectId>, alive1: set<ObjectId>, b: Category,
                       ar2: map<Category, ObjectId>, alive2: set<ObjectId>)
    requires ar1 == ar0 - {a} && alive1 == if a in ar0 then alive0 - {ar0[a]} else alive0
    requires ar2 == ar1 - {b} && alive2 == if b in ar1 then alive1 - {ar1[b]} else alive1
    ensures Removed(ar0, alive0, {a} + {b}, ar2, alive2)
  {
    assert Occ(ar0, {a} + {b}) == (if a in ar0 then {ar0[a]} else {}) + (if b in ar1 then {ar1[b]} else {});
  }

  /** The parts hidden by the categories `restored` are shown and their lists dropped. */
  ghost predicate Restored(h0: map<Category, seq<PartId>>, p0: map<PartId, bool>, restored: set<Category>,
                                h: map<Category, seq<PartId>>, p: map<PartId, bool>)
  {
    h == h0 - restored && p == SetAll(p0, PartsOf(h0, restored), true)
  }

  /** Restoring one more category extends the restored group. */
  lemma RestoreMore(h0: map<Category, seq<PartId>>, p0: map<PartId, bool>, restored: set<Category>,
                    h: map<Category, seq<PartId>>, p: map<PartId, bool>, c: Category, p': map<PartId, bool>)
    requires Restored(h0, p0, restored, h, p)
    requires p' == SetAll(p, PartsOf(h, {c}), true)
    ensures Restored(h0, p0, restored + {c}, h - {c}, p')
  {
    forall q ensures q in PartsOf(h0, restored + {c}) <==> q in PartsOf(h0, restored) + PartsOf(h, {c}) {
      PartsOfMembers(h0, restored + {c}, q);
      PartsOfMembers(h0, restored, q);
      PartsOfMembers(h, {c}, q);
    }
    SetAllUnion(p0, PartsOf(h0, restored), PartsOf(h, {c}), true);
  }

  /** Restoring two categories in turn restores the pair. */
  lemma RestorePair(h0: map<Category, seq<PartId>>, p0: map<PartId, bool>, a: Category,
                        h1: map<Category, seq<PartId>>, p1: map<PartId, bool>, b: Category, p2: map<PartId, bool>)
    requires h1 == h0 - {a} && p1 == SetAll(p0, PartsOf(h0, {a}), true)
    requires p2 == SetAll(p1, PartsOf(h1, {b}), true)
    ensures Restored(h0, p0, {a} + {b}, h1 - {b}, p2)
  {
    SetAllNothing(p0, true);
    RestoreMore(h0, p0, {}, h0, p0, a, p1);
    RestoreMore(h0, p0, {a}, h1, p1, b, p2);
  }

  /** Removing and restoring one category clears that category. */
  lemma ClearOne(ar0: map<Category, ObjectId>, alive0: set<ObjectId>, h0: map<Category, seq<PartId>>, p0: map<PartId, bool>,
                a: Category, ar1: map<Category, ObjectId>, alive1: set<ObjectId>, h1: map<Category, seq<PartId>>, p1: map<PartId, bool>)
    requires ar1 == ar0 - {a} && alive1 == if a in ar0 then alive0 - {ar0[a]} else alive0
    requires h1 == h0 - {a} && p1 == SetAll(p0, PartsOf(h0, {a}), true)
    ensures Removed(ar0, alive0, {a}, ar1, alive1)
    ensures Restored(h0, p0, {a}, h1, p1)
  {
    assert Occ(ar0, {a}) == if a in ar0 then {ar0[a]} else {};
  }

  /** Clearing no category changes nothing. */
  lemma ClearNone(ar0: map<Category, ObjectId>, alive0: set<ObjectId>, h0: map<Category, seq<PartId>>, p0: map<PartId, bool>)
    ensures Removed(ar0, alive0, {}, ar0, alive0)
    ensures Restored(h0, p0, {}, h0, p0)
  {
    assert Occ(ar0, {}) == {};
    SetAllNothing(p0, true);
  }

  /**
   * The renderers after equipping an item of category `cat`, from the
   * renderers `ar0` of the state before: the categories worn before (the
   * recorded ones but Hair when the combined outfit was shown) minus the
   * vacated ones, plus the item's own category unless it is Hair. The item's
   * renderer is the last object spawned; every other renderer is a fresh copy
   * of its recorded item when the combined outfit was broken up, and the same
   * object as before otherwise.
   */
  ghost predicate RenderersAfterEquip(shown: bool, cat: Category, ar0: map<Category, ObjectId>,
                                      eq0: map<Category, ClothingRecord>, sp0: seq<Instance>,
                                      ar: map<Category, ObjectId>, sp: seq<Instance>,
                                      parent: Option<ModelId>, base: BaseBody, root: Option<BoneId>)
  {
    && ar.Keys == ((if shown then RespawnCategories(eq0) else ar0.Keys) - Vacated(cat)) + (if cat == Hair then {} else {cat})
    && (cat != Hair ==> ar[cat] == |sp| - 1)
    && forall c :: c in ar && c != cat ==>
         if shown then
           && |sp0| <= ar[c] < |sp| && c in eq0 && eq0[c].clothingPrefab.Some?
           && sp[ar[c]] == CopyOf(eq0[c], parent, base, root)
         else
           c in ar0 && ar[c] == ar0[c]
  }

  /** Breaking up, then wearing an item, leaves the renderers RenderersAfterEquip describes. */
  lemma EquipRenderers(shown: bool, r: ClothingRecord, ar0: map<Category, ObjectId>,
                       eq0: map<Category, ClothingRecord>, sp0: seq<Instance>,
                       alive0: set<ObjectId>, ar1: map<Category, ObjectId>, sp1: seq<Instance>, alive1: set<ObjectId>,
                       ar: map<Category, ObjectId>, sp: seq<Instance>,
                       parent: Option<ModelId>, base: BaseBody, root: Option<BoneId>)
    requires shown ==> Respawned(ar1, eq0, sp0, sp1, alive0, alive1, parent, base, root)
    requires !shown ==> ar1 == ar0 && sp1 == sp0
    requires Hair !in ar0 && sp0 <= sp1 && |sp| == |sp1| + 1 && sp1 <= sp
    requires ar == if r.category == Hair then ar1 else (ar1 - Vacated(r.category))[r.category := |sp1|]
    ensures RenderersAfterEquip(shown, r.category, ar0, eq0, sp0, ar, sp, parent, base, root)
  {
    assert Hair !in ar1;
    if shown {
      forall c | c in ar && c != r.category
        ensures |sp0| <= ar[c] < |sp| && c in eq0 && eq0[c].clothingPrefab.Some?
        ensures sp[ar[c]] == CopyOf(eq0[c], parent, base, root)
      {
        assert c in ar1 && ar[c] == ar1[c];
        assert sp[ar1[c]] == sp1[ar1[c]];
      }
    }
  }

  /** The categories an item of category `c` evicts: its conflict group and its own slot. */
  function Vacated(c: Category): (cats: set<Category>)
    ensures c in cats && (c == Hair ==> cats == {Hair})
  {
    ConflictGroup(c) + {c}
  }

  /**
   * Clearing the conflicting categories and then the item's own category
   * clears exactly the vacated categories.
   */
  lemma VacateAccounting(cat: Category, w0: Worn, w1: Worn, w2: Worn)
    requires Hair !in w0.renderers && forall c :: c in w0.hair ==> c == Hair
    requires Removed(w0.renderers, w0.alive, ConflictGroup(cat), w1.renderers, w1.alive)
    requires Restored(w0.hidden, w0.parts, ConflictGroup(cat), w1.hidden, w1.parts)
    requires w2.equipped == w0.equipped && w2.spawned == w0.spawned
    requires w2.renderers == w1.renderers - {cat} && w2.hair == (if cat == Hair then map[] else w0.hair)
    requires w2.hidden == w1.hidden - {cat} && w2.parts == SetAll(w1.parts, PartsOf(w1.hidden, {cat}), true)
    requires w2.alive == w1.alive - (Occ(w1.renderers, {cat}) + Occ(w0.hair, {cat}))
    ensures VacateStep(cat, w0, w2)
  {
    RestoreMore(w0.hidden, w0.parts, ConflictGroup(cat), w1.hidden, w1.parts, cat, w2.parts);
    assert Occ(w0.renderers, Vacated(cat)) == Occ(w0.renderers, ConflictGroup(cat)) + Occ(w1.renderers, {cat});
    assert Occ(w0.hair, Vacated(cat)) == Occ(w0.hair, {cat});
  }

  /** The worn state together with the engine objects it refers to, as one value. */
  datatype Worn = Worn(renderers: map<Category, ObjectId>, hair: map<Category, ObjectId>,
                       hidden: map<Category, seq<PartId>>, equipped: map<Category, ClothingRecord>,
                       parts: map<PartId, bool>, spawned: seq<Instance>, alive: set<ObjectId>)

  /** What spawning and hiding read from the bound rig. */
  datatype Rigging = Rigging(body: Option<ModelId>, base: BaseBody, root: Option<BoneId>, slot: Option<SlotId>,
                             lookup: map<string, PartId>)

  /** The object spawned for a record: its hair prop under the head slot, or a copy of its skinned prefab bound to the rig. */
  function SpawnOf(r: ClothingRecord, g: Rigging): Instance
    requires Spawnable(r)
  {
    if r.category == Hair then HairInstance(r.hairPrefab.value, g.slot) else CopyOf(r, g.body, g.base, g.root)
  }

  /**
   * Vacating the categories an item of `cat` evicts turns `w0` into `w`: their
   * renderers and hair prop are dropped and destroyed, and the parts they hid
   * are shown again and their lists dropped.
   */
  ghost predicate VacateStep(cat: Category, w0: Worn, w: Worn) {
    var vac := Vacated(cat);
    && w.equipped == w0.equipped && w.spawned == w0.spawned
    && w.renderers == w0.renderers - vac
    && w.hair == (if cat == Hair then map[] else w0.hair)
    && w.alive == w0.alive - (Occ(w0.renderers, vac) + Occ(w0.hair, vac))
    && w.hidden == w0.hidden - vac
    && w.parts == SetAll(w0.parts, PartsOf(w0.hidden, vac), true)
  }

  /**
   * Putting `r` into its emptied category turns `w0` into `w`: it is spawned
   * as the next object, and the parts it names are hidden and logged.
   */
  ghost predicate OccupyStep(r: ClothingRecord, g: Rigging, w0: Worn, w: Worn)
    requires Spawnable(r)
  {
    var cat, id, list := r.category, |w0.spawned|, LookupParts(g.lookup, r.bodyPartsToHideName);
    && w.equipped == w0.equipped
    && w.spawned == w0.spawned + [SpawnOf(r, g)]
    && w.renderers == (if cat == Hair then w0.renderers else w0.renderers[cat := id])
    && w.hair == (if cat == Hair then w0.hair[Hair := id] else w0.hair)
    && w.alive == w0.alive + {id}
    && w.hidden == w0.hidden[cat := list]
    && w.parts == SetAll(w0.parts, Elements(list), false)
  }

  /**
   * Wearing `r` turns `w0` into `w`: the record is kept, the vacated
   * categories are cleared (their objects destroyed, the parts they hid shown
   * again), the item is spawned as the next object into its category, and the
   * parts it names are hidden and logged under its category.
   */
  ghost predicate WearStep(r: ClothingRecord, g: Rigging, w0: Worn, w: Worn)
    requires Spawnable(r)
  {
    var cat, vac, id := r.category, Vacated(r.category), |w0.spawned|;
    && w.equipped == w0.equipped[cat := r]
    && w.spawned == w0.spawned + [SpawnOf(r, g)]
    && w.renderers == (if cat == Hair then w0.renderers else (w0.renderers - vac)[cat := id])
    && w.hair == (if cat == Hair then map[Hair := id] else w0.hair)
    && w.alive == (w0.alive - (Occ(w0.renderers, vac) + Occ(w0.hair, vac))) + {id}
    && w.hidden == (w0.hidden - vac)[cat := LookupParts(g.lookup, r.bodyPartsToHideName)]
    && w.parts == SetAll(SetAll(w0.parts, PartsOf(w0.hidden, vac), true), Elements(w.hidden[cat]), false)
  }

  /** Recording the item, vacating its categories and occupying its own is wearing it. */
  lemma WearComposes(r: ClothingRecord, g: Rigging, w0: Worn, w1: Worn, w2: Worn, w: Worn)
    requires Spawnable(r)
    requires && w1.equipped == w0.equipped[r.category := r]
             && w1.renderers == w0.renderers && w1.hair == w0.hair && w1.hidden == w0.hidden
             && w1.parts == w0.parts && w1.spawned == w0.spawned && w1.alive == w0.alive
    requires Hair !in w0.renderers
    requires VacateStep(r.category, w1, w2) && OccupyStep(r, g, w2, w)
    ensures WearStep(r, g, w0, w)
  {
    if r.category == Hair {
      assert w0.renderers - Vacated(Hair) == w0.renderers;
    }
  }

  /**
   * Breaking up turns `w0` into `w`: when the combined outfit was shown, the
   * recorded items are respawned as distinct objects and nothing else changes;
   * otherwise nothing changes at all.
   */
  ghost predicate BreakStep(shown: bool, g: Rigging, w0: Worn, w: Worn) {
    && w.hair == w0.hair && w.hidden == w0.hidden && w.equipped == w0.equipped && w.parts == w0.parts
    && if shown then
         && Respawned(w.renderers, w0.equipped, w0.spawned, w.spawned, w0.alive, w.alive, g.body, g.base, g.root)
         && (forall c, d :: c in w.renderers && d in w.renderers && c != d ==> w.renderers[c] != w.renderers[d])
       else
         w.renderers == w0.renderers && w.spawned == w0.spawned && w.alive == w0.alive
  }

  /**
   * Equipping `r` turns `w0` into `w`: the record is kept, the item is the
   * last object spawned, the renderers are as RenderersAfterEquip says, the
   * item is the only hair prop when it is Hair, and the vacated categories'
   * hidden parts are shown again before the item's own are hidden.
   */
  ghost predicate EquipStep(shown: bool, r: ClothingRecord, g: Rigging, w0: Worn, w: Worn)
    requires Spawnable(r)
  {
    var cat, vac := r.category, Vacated(r.category);
    && w.equipped == w0.equipped[cat := r]
    && |w0.spawned| < |w.spawned| && w0.spawned <= w.spawned && w.spawned[|w.spawned| - 1] == SpawnOf(r, g)
    && RenderersAfterEquip(shown, cat, w0.renderers, w0.equipped, w0.spawned, w.renderers, w.spawned, g.body, g.base, g.root)
    && (cat == Hair ==> w.hair.Keys == {Hair} && w.hair[Hair] == |w.spawned| - 1)
    && (cat != Hair ==> w.hair == w0.hair)
    && w.hidden == (w0.hidden - vac)[cat := LookupParts(g.lookup, r.bodyPartsToHideName)]
    && w.parts == SetAll(SetAll(w0.parts, PartsOf(w0.hidden, vac), true), Elements(w.hidden[cat]), false)
  }

  /** Breaking up and then wearing an item is equipping it. */
  lemma EquipComposes(shown: bool, r: ClothingRecord, g: Rigging, w0: Worn, w1: Worn, w: Worn)
    requires Spawnable(r) && Hair !in w0.renderers
    requires BreakStep(shown, g, w0, w1) && WearStep(r, g, w1, w)
    ensures EquipStep(shown, r, g, w0, w)
  {
    EquipRenderers(shown, r, w0.renderers, w0.equipped, w0.spawned, w0.alive, w1.renderers, w1.spawned, w1.alive,
                   w.renderers, w.spawned, g.body, g.base, g.root);
  }

  class AvatarCustomizeManager {
    // References bound from the model's binder.
    var playerBody: Option<ModelId>
    var rootBone: Option<BoneId>
    var headAccessoriesSlot: Option<SlotId>
    var baseBodyRenderer: Option<BaseBody>
    var combinedMeshRenderer: CombinedRenderer?
    var bodyPartLookup: Option<map<string, PartId>>

    // The worn state.
    var activeRenderers: map<Category, ObjectId>
    var hiddenPartsByCategory: map<Category, seq<PartId>>
    var activeHairObjects: map<Category, ObjectId>
    var equippedData: map<Category, ClothingRecord>

    // The engine objects the manager touches.
    var partActive: map<PartId, bool>
    var spawned: seq<Instance>
    var alive: set<ObjectId>

    /** The manager's invariant: every held object is alive and of the right kind, and every record can be respawned. */
    ghost predicate Valid()
      reads this`activeRenderers, this`activeHairObjects, this`spawned, this`alive, this`equippedData,
            this`bodyPartLookup, this`baseBodyRenderer
    {
      && ObjectsValid(activeRenderers, activeHairObjects, spawned, alive)
      && RecordsValid(equippedData)
      && (bodyPartLookup.Some? <==> baseBodyRenderer.Some?)
    }

    /** A shown combined outfit has replaced every separate renderer. */
    ghost predicate Exclusive()
      reads this`activeRenderers, this`combinedMeshRenderer, combinedMeshRenderer
    {
      CombinedActive() ==> activeRenderers == map[]
    }

    /** A rig has been bound. */
    predicate Bound()
      reads this`bodyPartLookup, this`baseBodyRenderer
    {
      bodyPartLookup.Some? && baseBodyRenderer.Some?
    }

    /** The worn state: the four dictionaries, part activity and the engine's objects. */
    ghost function State(): Worn
      reads this`activeRenderers, this`activeHairObjects, this`hiddenPartsByCategory, this`equippedData,
            this`partActive, this`spawned, this`alive
    {
      Worn(activeRenderers, activeHairObjects, hiddenPartsByCategory, equippedData, partActive, spawned, alive)
    }

    /** The bound rig: the body, its base renderer and skeleton, the head slot and the part lookup. */
    ghost function Rigged(): Rigging
      requires Bound()
      reads this`playerBody, this`baseBodyRenderer, this`rootBone, this`headAccessoriesSlot, this`bodyPartLookup
    {
      Rigging(playerBody, baseBodyRenderer.value, rootBone, headAccessoriesSlot, bodyPartLookup.value)
    }

    /** The combined renderer exists and is shown. */
    predicate CombinedActive()
      reads this`combinedMeshRenderer, combinedMeshRenderer
    {
      combinedMeshRenderer != null && combinedMeshRenderer.active
    }

    /** The objects that currently occupy the categories `cats`. */
    ghost function Occupants(cats: set<Category>): set<ObjectId>
      reads this`activeRenderers, this`activeHairObjects
    {
      Occ(activeRenderers, cats) + Occ(activeHairObjects, cats)
    }

    /** A manager with nothing bound, in a scene whose body parts have the given activity. */
    constructor (partActive: map<PartId, bool>)
      ensures Valid() && Exclusive() && !Bound()
      ensures playerBody == None && rootBone == None && headAccessoriesSlot == None
      ensures combinedMeshRenderer == null
      ensures activeRenderers == map[] && hiddenPartsByCategory == map[]
      ensures activeHairObjects == map[] && equippedData == map[]
      ensures this.partActive == partActive && spawned == [] && alive == {}
    {
      playerBody := None;
      rootBone := None;
      headAccessoriesSlot := None;
      baseBodyRenderer := None;
      combinedMeshRenderer := null;
      bodyPartLookup := None;
      activeRenderers := map[];
      hiddenPartsByCategory := map[];
      activeHairObjects := map[];
      equippedData := map[];
      this.partActive := partActive;
      spawned := [];
      alive := {};
    }

    // ---------------------------------------------------------------- engine calls

    /** Instantiates an object: it gets the next id and is alive. */
    method Instantiate(inst: Instance) returns (id: ObjectId)
      modifies this`spawned, this`alive
      ensures id == |old(spawned)| && spawned == old(spawned) + [inst] && alive == old(alive) + {id}
    {
      id := |spawned|;
      spawned := spawned + [inst];
      alive := alive + {id};
    }

    method Destroy(id: ObjectId)
      modifies this`alive
      ensures alive == old(alive) - {id}
    {
      alive := alive - {id};
    }

    // ---------------------------------------------------------------- binding

    /**
     * Binds a model. Without a binder only the body reference changes and the
     * missing binder is reported; otherwise the rig is bound and the worn state
     * starts empty.
     */
    method InitializeModel(model: Model) returns (outcome: Outcome)
      requires Valid() && Exclusive()
      requires model.binder.Some? ==> UniquePartNames(model.binder.value.bodyParts)
      modifies this`playerBody, this`rootBone, this`headAccessoriesSlot, this`baseBodyRenderer,
               this`combinedMeshRenderer, this`bodyPartLookup,
               this`activeRenderers, this`hiddenPartsByCategory, this`activeHairObjects, this`equippedData
      ensures Valid() && Exclusive()
      ensures playerBody == Some(model.id)
      ensures model.binder.None? ==>
        && outcome == MissingBinder
        && rootBone == old(rootBone) && headAccessoriesSlot == old(headAccessoriesSlot)
        && baseBodyRenderer == old(baseBodyRenderer) && combinedMeshRenderer == old(combinedMeshRenderer)
        && bodyPartLookup == old(bodyPartLookup)
        && activeRenderers == old(activeRenderers) && hiddenPartsByCategory == old(hiddenPartsByCategory)
        && activeHairObjects == old(activeHairObjects) && equippedData == old(equippedData)
      ensures model.binder.Some? ==>
        var b := model.binder.value;
        && outcome == Completed && Bound()
        && rootBone == Some(b.rootBone) && headAccessoriesSlot == Some(b.headAccessoriesSlot)
        && baseBodyRenderer == Some(b.baseBodyRenderer) && combinedMeshRenderer == b.combinedMeshRenderer
        && bodyPartLookup == Some(PartLookup(b.bodyParts))
        && activeRenderers == map[] && hiddenPartsByCategory == map[]
        && activeHairObjects == map[] && equippedData == map[]
    {
      playerBody := Some(model.id);
      if model.binder.None? {
        return MissingBinder;
      }
      AssignBinder(model.binder.value);
      ResetDictionaries();
      assert Bound() && activeRenderers == map[];
      outcome := Completed;
    }

    /** Copies the binder's references and builds the part lookup by name. */
    method AssignBinder(binder: Binder)
      requires UniquePartNames(binder.bodyParts)
      modifies this`rootBone, this`headAccessoriesSlot, this`baseBodyRenderer,
               this`combinedMeshRenderer, this`bodyPartLookup
      ensures rootBone == Some(binder.rootBone) && headAccessoriesSlot == Some(binder.headAccessoriesSlot)
      ensures baseBodyRenderer == Some(binder.baseBodyRenderer)
      ensures combinedMeshRenderer == binder.combinedMeshRenderer
      ensures bodyPartLookup == Some(PartLookup(binder.bodyParts))
    {
      rootBone := Some(binder.rootBone);
      headAccessoriesSlot := Some(binder.headAccessoriesSlot);
      baseBodyRenderer := Some(binder.baseBodyRenderer);
      combinedMeshRenderer := binder.combinedMeshRenderer;
      bodyPartLookup := Some(PartLookup(binder.bodyParts));
    }

    /** Empties the four worn-state dictionaries. */
    method ResetDictionaries()
      modifies this`activeRenderers, this`hiddenPartsByCategory, this`activeHairObjects, this`equippedData
      ensures activeRenderers == map[] && hiddenPartsByCategory == map[]
      ensures activeHairObjects == map[] && equippedData == map[]
    {
      activeRenderers := map[];
      activeHairObjects := map[];
      hiddenPartsByCategory := map[];
      equippedData := map[];
    }

    // ---------------------------------------------------------------- equipping

    /**
     * Equips a record (None stands for a null record). A shown combined outfit
     * is broken up first; a null record then throws. Otherwise the item takes
     * its category (see Wear).
     */
    method EquipClothing(newClothing: Option<ClothingRecord>) returns (outcome: Outcome, ghost broken: Worn)
      requires Valid() && Exclusive() && Bound()
      requires newClothing.Some? ==> Spawnable(newClothing.value)
      modifies this`activeRenderers, this`hiddenPartsByCategory, this`activeHairObjects, this`equippedData,
               this`partActive, this`spawned, this`alive, {combinedMeshRenderer}`sharedMesh, {combinedMeshRenderer}`active
      ensures Valid() && Bound() && !CombinedActive()
      ensures BreakStep(old(CombinedActive()), Rigged(), old(State()), broken)
      ensures combinedMeshRenderer != null ==>
        combinedMeshRenderer.sharedMesh == if old(CombinedActive()) then None else old(combinedMeshRenderer.sharedMesh)
      ensures ObjectsValid(broken.renderers, broken.hair, broken.spawned, broken.alive)
      ensures newClothing.None? ==>
        && outcome == Threw(NullReference)
        && activeRenderers == broken.renderers && activeHairObjects == broken.hair
        && hiddenPartsByCategory == broken.hidden && equippedData == broken.equipped
        && partActive == broken.parts && spawned == broken.spawned && alive == broken.alive
      ensures newClothing.Some? ==>
        && outcome == Completed
        && WearStep(newClothing.value, Rigged(), broken, State())
    {
      BreakCombinedOutfit();
      broken := State();
      if newClothing.None? {
        outcome := Threw(NullReference);
      } else {
        Wear(newClothing.value);
        outcome := Completed;
      }
    }

    /**
     * Equips a random Hair record, then random Shoes, then either a random
     * Outfit (when `useOutfit`, the coin flip) or a random Top and Bottom.
     * The catalog offers no Hair list, so the first pick is null and the first
     * equip throws after breaking up the combined outfit: no item is worn and
     * the later picks and the coin flip are never used.
     */
    method RandomizeOutfit(list: ClothingList, useOutfit: bool, hairPick: nat) returns (outcome: Outcome)
      requires Valid() && Exclusive() && Bound()
      modifies this`activeRenderers, this`hiddenPartsByCategory, this`activeHairObjects, this`equippedData,
               this`partActive, this`spawned, this`alive, {combinedMeshRenderer}`sharedMesh, {combinedMeshRenderer}`active
      ensures Valid() && Exclusive() && !CombinedActive()
      ensures outcome == Threw(NullReference)
      ensures BreakStep(old(CombinedActive()), Rigged(), old(State()), State())
      ensures combinedMeshRenderer != null ==>
        combinedMeshRenderer.sharedMesh == if old(CombinedActive()) then None else old(combinedMeshRenderer.sharedMesh)
    {
      UnlistedCategoriesNeverPick(list, Hair, hairPick);
      var hair := GetRandomClothing(list, Hair, hairPick);
      ghost var broken: Worn;
      outcome, broken := EquipClothing(hair);
    }

    /**
     * The item takes its category, with no combined outfit shown: it is
     * recorded, the items it conflicts with and the previous occupant are
     * removed and the parts they hid are shown again, the item is spawned, and
     * the parts it names are hidden and logged under its category.
     */
    method Wear(clothing: ClothingRecord)
      requires Valid() && Bound() && Spawnable(clothing) && !CombinedActive()
      modifies this`activeRenderers, this`hiddenPartsByCategory, this`activeHairObjects, this`equippedData,
               this`partActive, this`spawned, this`alive
      ensures Valid() && !CombinedActive()
      ensures WearStep(clothing, Rigged(), old(State()), State())
    {
      ghost var w0 := State();
      equippedData := equippedData[clothing.category := clothing];
      ghost var w1 := State();
      Vacate(clothing.category);
      ghost var w2 := State();
      Occupy(clothing);
      WearComposes(clothing, Rigged(), w0, w1, w2, State());
    }

    /**
     * Puts the item into its emptied category: it is spawned, and the parts
     * it names are hidden and logged under its category.
     */
    method Occupy(clothing: ClothingRecord)
      requires Valid() && Bound() && Spawnable(clothing) && !CombinedActive()
      modifies this`activeRenderers, this`hiddenPartsByCategory, this`activeHairObjects, this`partActive, this`spawned, this`alive
      ensures Valid() && !CombinedActive()
      ensures OccupyStep(clothing, Rigged(), old(State()), State())
    {
      SpawnClothing(clothing);
      var hiddenList := HideBodyParts(clothing.bodyPartsToHideName);
      hiddenPartsByCategory := hiddenPartsByCategory[clothing.category := hiddenList];
    }

    /**
     * Clears every category an item of `category` evicts: the renderers or
     * the hair prop there are destroyed and the parts they hid are shown again.
     */
    method Vacate(category: Category)
      requires Valid() && !CombinedActive()
      modifies this`activeRenderers, this`activeHairObjects, this`hiddenPartsByCategory, this`partActive, this`alive
      ensures Valid() && !CombinedActive()
      ensures VacateStep(category, old(State()), State())
    {
      ghost var w0 := State();
      RemoveConflicts(category);
      ghost var w1 := State();
      RemoveOccupant(category);
      VacateAccounting(category, w0, w1, State());
    }

    /**
     * Clears the categories an item of `category` conflicts with: their
     * renderers are destroyed and the parts they hid are shown again.
     */
    method RemoveConflicts(category: Category)
      requires Valid()
      modifies this`activeRenderers, this`hiddenPartsByCategory, this`partActive, this`alive
      ensures Valid()
      ensures Removed(old(activeRenderers), old(alive), ConflictGroup(category), activeRenderers, alive)
      ensures Restored(old(hiddenPartsByCategory), old(partActive), ConflictGroup(category),
                            hiddenPartsByCategory, partActive)
    {
      ghost var ar0, alive0, h0, p0 := activeRenderers, alive, hiddenPartsByCategory, partActive;
      if category == Outfit {
        RemoveCategoryRenderer(Top);
        ghost var ar, al := activeRenderers, alive;
        RemoveCategoryRenderer(Bottom);
        RemovePair(ar0, alive0, Top, ar, al, Bottom, activeRenderers, alive);
        RestoreHiddenParts(Top);
        ghost var h, p := hiddenPartsByCategory, partActive;
        RestoreHiddenParts(Bottom);
        RestorePair(h0, p0, Top, h, p, Bottom, partActive);
        assert {Top} + {Bottom} == ConflictGroup(category);
      } else if category == Top || category == Bottom {
        RemoveCategoryRenderer(Outfit);
        RestoreHiddenParts(Outfit);
        ClearOne(ar0, alive0, h0, p0, Outfit, activeRenderers, alive, hiddenPartsByCategory, partActive);
        assert {Outfit} == ConflictGroup(category);
      } else {
        ClearNone(ar0, alive0, h0, p0);
      }
    }

    /**
     * Clears the item's own category: the previous occupant is destroyed and
     * the parts it hid are shown again.
     */
    method RemoveOccupant(category: Category)
      requires Valid()
      modifies this`activeRenderers, this`activeHairObjects, this`hiddenPartsByCategory, this`partActive, this`alive
      ensures Valid()
      ensures activeRenderers == old(activeRenderers) - {category}
      ensures activeHairObjects == if category == Hair then map[] else old(activeHairObjects)
      ensures hiddenPartsByCategory == old(hiddenPartsByCategory) - {category}
      ensures partActive == SetAll(old(partActive), PartsOf(old(hiddenPartsByCategory), {category}), true)
      ensures alive == old(alive) - (Occ(old(activeRenderers), {category}) + Occ(old(activeHairObjects), {category}))
    {
      if category == Hair {
        RemoveHairObject();
        assert Occ(old(activeRenderers), {Hair}) == {};
      } else {
        RemoveCategoryRenderer(category);
        assert Occ(old(activeHairObjects), {category}) == {};
      }
      RestoreHiddenParts(category);
    }

    /**
     * Hides every part the names resolve to through the lookup, skipping
     * unknown names, and returns the hidden parts in the order of the names.
     */
    method HideBodyParts(names: seq<string>) returns (hiddenList: seq<PartId>)
      requires Bound()
      modifies this`partActive
      ensures hiddenList == LookupParts(bodyPartLookup.value, names)
      ensures partActive == SetAll(old(partActive), Elements(hiddenList), false)
    {
      var lookup := bodyPartLookup.value;
      hiddenList := [];
      for i := 0 to |names|
        invariant hiddenList == LookupParts(lookup, names[..i])
        invariant partActive == SetAll(old(partActive), Elements(hiddenList), false)
      {
        assert names[..i + 1][..i] == names[..i];
        if names[i] in lookup {
          var part := lookup[names[i]];
          SetAllInsert(old(partActive), Elements(hiddenList), part, false);
          assert Elements(hiddenList + [part]) == Elements(hiddenList) + {part};
          partActive := partActive[part := false];
          hiddenList := hiddenList + [part];
        }
      }
      assert names[..|names|] == names;
    }

    // ---------------------------------------------------------------- spawning

    /** Spawns the item: a hair prop for Hair, a skinned renderer otherwise. */
    method SpawnClothing(clothing: ClothingRecord)
      requires Valid() && Bound() && Spawnable(clothing)
      modifies this`activeRenderers, this`activeHairObjects, this`spawned, this`alive
      ensures Valid()
      ensures var cat, id := clothing.category, |old(spawned)|;
        && spawned == old(spawned) + [if cat == Hair then HairInstance(clothing.hairPrefab.value, headAccessoriesSlot)
                                      else CopyOf(clothing, playerBody, baseBodyRenderer.value, rootBone)]
        && activeRenderers == (if cat == Hair then old(activeRenderers) else old(activeRenderers)[cat := id])
        && activeHairObjects == (if cat == Hair then old(activeHairObjects)[Hair := id] else old(activeHairObjects))
        && alive == old(alive) + {id}
    {
      if clothing.category == Hair {
        SpawnHairObject(clothing);
      } else {
        SpawnSkinnedClothing(clothing);
      }
    }

    /** Spawns a copy of the record's skinned prefab, bound to the rig, as its category's renderer. */
    method SpawnSkinnedClothing(clothing: ClothingRecord)
      requires Valid() && Bound()
      requires Spawnable(clothing) && clothing.category != Hair
      modifies this`activeRenderers, this`spawned, this`alive
      ensures Valid()
      ensures spawned == old(spawned) + [CopyOf(clothing, playerBody, baseBodyRenderer.value, rootBone)]
      ensures activeRenderers == old(activeRenderers)[clothing.category := |old(spawned)|]
      ensures alive == old(alive) + {|old(spawned)|}
    {
      var newRenderer := Instantiate(CopyOf(clothing, playerBody, baseBodyRenderer.value, rootBone));
      activeRenderers := activeRenderers[clothing.category := newRenderer];
    }

    /** Spawns the record's hair prop under the head slot as the Hair object. */
    method SpawnHairObject(clothing: ClothingRecord)
      requires Valid() && Spawnable(clothing) && clothing.category == Hair
      modifies this`activeHairObjects, this`spawned, this`alive
      ensures Valid()
      ensures spawned == old(spawned) + [HairInstance(clothing.hairPrefab.value, headAccessoriesSlot)]
      ensures activeHairObjects == old(activeHairObjects)[Hair := |old(spawned)|]
      ensures alive == old(alive) + {|old(spawned)|}
    {
      var hairObj := Instantiate(HairInstance(clothing.hairPrefab.value, headAccessoriesSlot));
      activeHairObjects := activeHairObjects[Hair := hairObj];
    }

    // ---------------------------------------------------------------- removing

    /** Destroys the category's renderer, if any, and forgets it. */
    method RemoveCategoryRenderer(category: Category)
      requires Valid()
      modifies this`activeRenderers, this`alive
      ensures Valid()
      ensures activeRenderers == old(activeRenderers) - {category}
      ensures alive == if category in old(activeRenderers) then old(alive) - {old(activeRenderers)[category]} else old(alive)
    {
      if category in activeRenderers {
        var renderer := activeRenderers[category];
        Destroy(renderer);
        activeRenderers := activeRenderers - {category};
      }
    }

    /** Destroys the hair prop, if any, and forgets it. */
    method RemoveHairObject()
      requires Valid()
      modifies this`activeHairObjects, this`alive
      ensures Valid()
      ensures activeHairObjects == map[]
      ensures alive == old(alive) - old(Occupants({Hair}))
    {
      if Hair in activeHairObjects {
        var hair := activeHairObjects[Hair];
        Destroy(hair);
        activeHairObjects := activeHairObjects - {Hair};
      }
    }

    /** Shows again every part the category hid and drops the category's hidden list. */
    method RestoreHiddenParts(category: Category)
      requires Valid()
      modifies this`partActive, this`hiddenPartsByCategory
      ensures Valid()
      ensures hiddenPartsByCategory == old(hiddenPartsByCategory) - {category}
      ensures partActive == SetAll(old(partActive), PartsOf(old(hiddenPartsByCategory), {category}), true)
    {
      if category in hiddenPartsByCategory {
        var list := hiddenPartsByCategory[category];
        for i := 0 to |list|
          invariant hiddenPartsByCategory == old(hiddenPartsByCategory)
          invariant partActive == SetAll(old(partActive), Elements(list[..i]), true)
        {
          SetAllInsert(old(partActive), Elements(list[..i]), list[i], true);
          assert Elements(list[..i + 1]) == Elements(list[..i]) + {list[i]} by {
            assert list[..i + 1] == list[..i] + [list[i]];
          }
          partActive := partActive[list[i] := true];
        }
        assert list[..|list|] == list;
        assert PartsOf(old(hiddenPartsByCategory), {category}) == Elements(list);
        hiddenPartsByCategory := hiddenPartsByCategory - {category};
      } else {
        assert PartsOf(old(hiddenPartsByCategory), {category}) == {};
        SetAllNothing(partActive, true);
      }
    }

    // ---------------------------------------------------------------- combining

    /**
     * Breaks up a shown combined outfit: clears and hides the combined renderer,
     * then respawns the recorded items.
     */
    method BreakCombinedOutfit()
      requires Valid() && Exclusive() && Bound()
      modifies this`activeRenderers, this`spawned, this`alive, {combinedMeshRenderer}`sharedMesh, {combinedMeshRenderer}`active
      ensures Valid() && !CombinedActive()
      ensures BreakStep(old(CombinedActive()), Rigged(), old(State()), State())
      ensures combinedMeshRenderer != null ==>
        combinedMeshRenderer.sharedMesh == if old(CombinedActive()) then None else old(combinedMeshRenderer.sharedMesh)
    {
      if combinedMeshRenderer != null && combinedMeshRenderer.active {
        combinedMeshRenderer.Clear();
        RebuildEquippedClothings();
        assert !CombinedActive();
      }
    }

    /** Spawns one renderer for every recorded item except Hair. */
    method RebuildEquippedClothings()
      requires Valid() && Bound() && activeRenderers == map[]
      modifies this`activeRenderers, this`spawned, this`alive
      ensures Valid()
      ensures Respawned(activeRenderers, equippedData, old(spawned), spawned, old(alive), alive,
                        playerBody, baseBodyRenderer.value, rootBone)
    {
      var remaining := equippedData.Keys;
      while remaining != {}
        invariant remaining <= equippedData.Keys
        invariant Valid()
        invariant RespawnedOn(RespawnCategories(equippedData) - remaining, activeRenderers, equippedData,
                              old(spawned), spawned, old(alive), alive, playerBody, baseBodyRenderer.value, rootBone)
        decreases remaining
      {
        var category :| category in remaining;
        var clothing := equippedData[category];
        remaining := remaining - {category};
        if category != Hair {
          RespawnOne(category, RespawnCategories(equippedData) - remaining - {category}, activeRenderers, equippedData,
                     old(spawned), spawned, old(alive), alive, playerBody, baseBodyRenderer.value, rootBone);
          SpawnSkinnedClothing(clothing);
        }
      }
    }

    /** Destroys every worn renderer, enumerating them in `order`. */
    method DestroyRenderers(order: seq<Category>)
      requires IsEnumeration(order, activeRenderers.Keys)
      modifies this`alive
      ensures alive == old(alive) - Ids(activeRenderers)
    {
      for k := 0 to |order|
        invariant alive == old(alive) - set j | 0 <= j < k :: activeRenderers[order[j]]
      {
        Destroy(activeRenderers[order[k]]);
        assert (set j | 0 <= j < k + 1 :: activeRenderers[order[j]]) ==
               (set j | 0 <= j < k :: activeRenderers[order[j]]) + {activeRenderers[order[k]]};
      }
      assert (set j | 0 <= j < |order| :: activeRenderers[order[j]]) == Ids(activeRenderers) by {
        forall id | id in Ids(activeRenderers) ensures id in set j | 0 <= j < |order| :: activeRenderers[order[j]] {
          var c :| c in activeRenderers && activeRenderers[c] == id;
          var j :| 0 <= j < |order| && order[j] == c;
        }
      }
    }

    /**
     * Merges the worn skinned renderers into the combined renderer. `order` is
     * the order in which the dictionary enumerates the worn categories. Nothing
     * happens without a worn renderer or without a combined renderer; a renderer
     * with fewer materials than sub-meshes makes the indexing throw before
     * anything is changed.
     */
    method FinalizeOutfit(order: seq<Category>) returns (outcome: Outcome)
      requires Valid() && Exclusive()
      requires IsEnumeration(order, activeRenderers.Keys)
      modifies this`activeRenderers, this`alive, combinedMeshRenderer
      ensures Valid() && Exclusive()
      ensures outcome == Completed || outcome == Threw(IndexOutOfRange)
      ensures old(activeRenderers) == map[] || combinedMeshRenderer == null || outcome.Threw? ==>
        && activeRenderers == old(activeRenderers) && alive == old(alive)
        && (combinedMeshRenderer != null ==> unchanged(combinedMeshRenderer))
      ensures old(activeRenderers) != map[] && combinedMeshRenderer != null ==>
        var views := Views(order, old(activeRenderers), spawned);
        && (outcome == Completed <==> MaterialsCover(views))
        && (outcome == Completed ==>
              && combinedMeshRenderer.sharedMesh == Some(CombinedMesh(Instances(views), Bindposes(views)))
              && combinedMeshRenderer.bones == Bones(views)
              && combinedMeshRenderer.materials == Materials(views)
              && combinedMeshRenderer.updateWhenOffscreen && combinedMeshRenderer.active
              && activeRenderers == map[]
              && alive == old(alive) - Ids(old(activeRenderers)))
    {
      if activeRenderers == map[] || combinedMeshRenderer == null {
        return Completed;
      }
      var views := Views(order, activeRenderers, spawned);
      var collected := Accumulate(views);
      if collected.None? {
        return Threw(IndexOutOfRange);
      }
      var combineInstances, materials, finalBindposes, finalBones :=
        collected.value.instances, collected.value.materials, collected.value.bindposes, collected.value.bones;

      assert views == Views(order, old(activeRenderers), spawned);
      combinedMeshRenderer.Show(CombinedMesh(combineInstances, finalBindposes), finalBones, materials);
      assert Valid();
      DestroyRenderers(order);
      assert forall c :: c in activeHairObjects ==> activeHairObjects[c] in alive by {
        forall c | c in activeHairObjects ensures activeHairObjects[c] !in Ids(activeRenderers) {
          assert spawned[activeHairObjects[c]].HairInstance?;
        }
      }
      activeRenderers := map[];
      outcome := Completed;
    }
  }
}
