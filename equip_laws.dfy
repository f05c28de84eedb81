/**
 * What one equip does to the worn state, stated on the step predicates of the
 * manager: the conflicting categories are emptied, the item's own object is
 * fresh and replaces the previous one, the hidden list is exactly the looked-up
 * parts, other categories are left alone, and the record history survives
 * evictions, which is what lets a broken-up outfit wear conflicting items.
 */
module EquipLaws {
  import opened Clothing
  import opened Rig
  import opened BodyParts
  import opened Customize

  /** No category is both a skinned category and a hair category. */
  lemma HairAndSkinnedDisjoint(renderers: map<Category, ObjectId>, hair: map<Category, ObjectId>,
                               spawned: seq<Instance>, alive: set<ObjectId>)
    requires ObjectsValid(renderers, hair, spawned, alive)
    ensures renderers.Keys !! hair.Keys
    ensures hair.Keys <= {Hair}
  {
    forall c | c in hair ensures c !in renderers {
      assert c == Hair;
    }
  }

  /**
   * Every category the item conflicts with ends up empty: no renderer, no
   * hair prop and no hidden list; its renderer is destroyed; and every part it
   * hid is active again, unless the item itself hides that part.
   */
  lemma WearClearsConflicts(r: ClothingRecord, g: Rigging, w0: Worn, w: Worn, c: Category)
    requires Spawnable(r) && ObjectsValid(w0.renderers, w0.hair, w0.spawned, w0.alive)
    requires WearStep(r, g, w0, w) && c in ConflictGroup(r.category)
    ensures c !in w.renderers && c !in w.hair && c !in w.hidden
    ensures c in w0.renderers ==> w0.renderers[c] !in w.alive
    ensures forall p :: c in w0.hidden && p in w0.hidden[c] ==>
              p in w.parts && (w.parts[p] <==> p !in w.hidden[r.category])
  {
    assert c in Vacated(r.category);
    if c in w0.renderers {
      assert w0.renderers[c] in Occ(w0.renderers, Vacated(r.category));
      assert w0.renderers[c] in w0.alive;
    }
    forall p | c in w0.hidden && p in w0.hidden[c]
      ensures p in w.parts && (w.parts[p] <==> p !in w.hidden[r.category])
    {
      assert p in PartsOf(w0.hidden, Vacated(r.category));
      HideAfterRestore(w0.parts, PartsOf(w0.hidden, Vacated(r.category)), w.hidden[r.category], p);
    }
  }

  /**
   * A category the item does not evict keeps its renderer, its hair prop, its
   * hidden list and its record; its renderer stays alive.
   */
  lemma WearKeepsOthers(r: ClothingRecord, g: Rigging, w0: Worn, w: Worn, c: Category)
    requires Spawnable(r) && ObjectsValid(w0.renderers, w0.hair, w0.spawned, w0.alive)
    requires WearStep(r, g, w0, w) && c !in Vacated(r.category)
    ensures c in w.renderers <==> c in w0.renderers
    ensures c in w0.renderers ==> w.renderers[c] == w0.renderers[c] && w.renderers[c] in w.alive
    ensures c in w.hidden <==> c in w0.hidden
    ensures c in w0.hidden ==> w.hidden[c] == w0.hidden[c]
    ensures c in w.equipped <==> c in w0.equipped
    ensures c in w0.equipped ==> w.equipped[c] == w0.equipped[c]
  {
    if c in w0.renderers {
      var id := w0.renderers[c];
      forall d | d in Vacated(r.category) && d in w0.renderers ensures w0.renderers[d] != id {
        assert d != c;
      }
      assert id !in Occ(w0.renderers, Vacated(r.category));
      HairAndSkinnedDisjoint(w0.renderers, w0.hair, w0.spawned, w0.alive);
      assert id !in Occ(w0.hair, Vacated(r.category)) by {
        forall d | d in Vacated(r.category) && d in w0.hair ensures w0.hair[d] != id {
          assert w0.spawned[w0.hair[d]].HairInstance? && w0.spawned[id].SkinnedInstance?;
        }
      }
    }
  }

  /**
   * The item is spawned as a fresh object into its own category, and the
   * object that held that category before is destroyed. A Hair item becomes
   * the only hair prop and leaves the renderers alone; any other item becomes
   * the renderer of its category and leaves the hair prop alone.
   */
  lemma WearSpawnsFresh(r: ClothingRecord, g: Rigging, w0: Worn, w: Worn)
    requires Spawnable(r) && ObjectsValid(w0.renderers, w0.hair, w0.spawned, w0.alive)
    requires WearStep(r, g, w0, w)
    ensures var id := |w0.spawned|;
      && id !in w0.alive && id in w.alive && w.spawned[id] == SpawnOf(r, g)
      && (r.category == Hair ==> w.hair == map[Hair := id] && w.renderers == w0.renderers)
      && (r.category != Hair ==> w.renderers[r.category] == id && w.hair == w0.hair)
    ensures r.category in w0.renderers ==> w0.renderers[r.category] !in w.alive
    ensures r.category in w0.hair ==> w0.hair[r.category] !in w.alive
  {
    var cat := r.category;
    if cat in w0.renderers {
      assert w0.renderers[cat] in Occ(w0.renderers, Vacated(cat));
      assert w0.renderers[cat] in w0.alive;
    }
    if cat in w0.hair {
      assert w0.hair[cat] in Occ(w0.hair, Vacated(cat));
      assert w0.hair[cat] in w0.alive;
    }
  }

  /**
   * The item's hidden list is the looked-up parts of its names, in order,
   * holding exactly the parts some known name maps to; each of them is
   * inactive afterwards, even one a conflicting category has just shown again.
   */
  lemma WearHidesList(r: ClothingRecord, g: Rigging, w0: Worn, w: Worn)
    requires Spawnable(r) && WearStep(r, g, w0, w)
    ensures r.category in w.hidden && w.hidden[r.category] == LookupParts(g.lookup, r.bodyPartsToHideName)
    ensures forall p :: p in w.hidden[r.category] <==>
              exists n :: n in r.bodyPartsToHideName && n in g.lookup && g.lookup[n] == p
    ensures forall p :: p in w.hidden[r.category] ==> p in w.parts && !w.parts[p]
  {
    var list := w.hidden[r.category];
    forall p ensures p in list <==> exists n :: n in r.bodyPartsToHideName && n in g.lookup && g.lookup[n] == p {
      LookupPartsMembers(g.lookup, r.bodyPartsToHideName, p);
    }
    forall p | p in list ensures p in w.parts && !w.parts[p] {
      HideAfterRestore(w0.parts, PartsOf(w0.hidden, Vacated(r.category)), list, p);
    }
  }

  /**
   * Two categories may hide the same part. When the item evicts one of them
   * and does not hide the part itself, the part is shown again although the
   * other category still lists it as hidden.
   */
  lemma WearShowsSharedPart(r: ClothingRecord, g: Rigging, w0: Worn, w: Worn, a: Category, b: Category, p: PartId)
    requires Spawnable(r) && WearStep(r, g, w0, w)
    requires a in ConflictGroup(r.category) && b !in Vacated(r.category)
    requires a in w0.hidden && b in w0.hidden && p in w0.hidden[a] && p in w0.hidden[b]
    requires p !in w.hidden[r.category]
    ensures p in w.parts && w.parts[p]
    ensures b in w.hidden && p in w.hidden[b]
  {
    assert a in Vacated(r.category);
    assert p in PartsOf(w0.hidden, Vacated(r.category));
    HideAfterRestore(w0.parts, PartsOf(w0.hidden, Vacated(r.category)), w.hidden[r.category], p);
  }

  /**
   * Breaking up a shown combined outfit wears a fresh copy of every recorded
   * item but Hair, whether or not it was worn when the outfit was combined.
   */
  lemma BreakWearsRecords(g: Rigging, w0: Worn, w: Worn)
    requires ObjectsValid(w0.renderers, w0.hair, w0.spawned, w0.alive) && BreakStep(true, g, w0, w)
    ensures w.renderers.Keys == w0.equipped.Keys - {Hair}
    ensures forall c :: c in w.renderers ==>
              |w0.spawned| <= w.renderers[c] < |w.spawned| && w.renderers[c] !in w0.alive
  {
    forall c | c in w.renderers ensures w.renderers[c] !in w0.alive {
      assert w.renderers[c] >= |w0.spawned|;
    }
  }

  /**
   * Breaking up a combined outfit, or finding none to break up, leaves the
   * objects consistent: the respawned renderers are distinct, alive and
   * skinned, and the hair prop is untouched.
   */
  lemma BreakKeepsObjectsValid(shown: bool, g: Rigging, w0: Worn, w: Worn)
    requires ObjectsValid(w0.renderers, w0.hair, w0.spawned, w0.alive) && BreakStep(shown, g, w0, w)
    ensures ObjectsValid(w.renderers, w.hair, w.spawned, w.alive)
  {
    if shown {
      forall c | c in w.hair ensures w.hair[c] in w.alive && w.spawned[w.hair[c]].HairInstance? {
        assert w.spawned[w.hair[c]] == w0.spawned[w.hair[c]];
      }
      forall c | c in w.renderers ensures w.renderers[c] in w.alive && w.spawned[w.renderers[c]].SkinnedInstance? {
        assert w.renderers[c] in Ids(w.renderers);
      }
      forall i | i in w.alive ensures i < |w.spawned| {
        if i !in w0.alive {
          var c :| c in w.renderers && w.renderers[c] == i;
        }
      }
    }
  }

  /**
   * Every worn renderer is an instance of its category's recorded item: the
   * category is recorded, and the renderer is a skinned copy of that record's
   * prefab.
   */
  ghost predicate Tracks(w: Worn) {
    forall c :: c in w.renderers ==>
      && c in w.equipped && w.equipped[c].clothingPrefab.Some?
      && w.renderers[c] < |w.spawned| && w.spawned[w.renderers[c]].SkinnedInstance?
      && w.spawned[w.renderers[c]].prefab == w.equipped[c].clothingPrefab.value
  }

  /** Wearing an item keeps every worn renderer tied to its category's record. */
  lemma WearKeepsTracks(r: ClothingRecord, g: Rigging, w0: Worn, w: Worn)
    requires Spawnable(r) && WearStep(r, g, w0, w)
    requires Tracks(w0) && Hair !in w0.renderers
    ensures Tracks(w)
  {
    forall c | c in w.renderers && c != r.category
      ensures w.spawned[w.renderers[c]] == w0.spawned[w0.renderers[c]]
    {
    }
  }

  /**
   * A break-up of a shown combined outfit ties every respawned renderer to its
   * record; a break-up with nothing shown keeps the renderers as they were.
   */
  lemma BreakKeepsTracks(shown: bool, g: Rigging, w0: Worn, w: Worn)
    requires BreakStep(shown, g, w0, w) && (!shown ==> Tracks(w0))
    ensures Tracks(w)
  {
  }

  /**
   * The half of the combine and break-up round trip that holds: every category
   * worn before the outfit was combined is worn again after the break-up, by a
   * fresh copy of the same prefab; when no record is stale (every recorded
   * non-Hair category was worn), exactly the same categories are worn again.
   */
  lemma RoundTrip(g: Rigging, w: Worn, combined: Worn, after: Worn)
    requires Tracks(w) && Hair !in w.renderers
    requires combined.equipped == w.equipped && BreakStep(true, g, combined, after)
    ensures w.renderers.Keys <= after.renderers.Keys
    ensures forall c :: c in w.renderers ==>
              && |combined.spawned| <= after.renderers[c] < |after.spawned|
              && after.spawned[after.renderers[c]] ==
                   SkinnedInstance(w.spawned[w.renderers[c]].prefab, g.body, g.base.bones, g.root)
    ensures w.renderers.Keys == w.equipped.Keys - {Hair} ==> after.renderers.Keys == w.renderers.Keys
  {
  }

  /**
   * The record history outlives evictions: after a Top and then an Outfit are
   * worn, the Outfit has evicted the Top, but both records are kept, so
   * breaking up a combined outfit of that state wears the Top and the Outfit
   * together.
   */
  lemma StaleTopReturns(top: ClothingRecord, outfit: ClothingRecord, g: Rigging,
                        w0: Worn, w1: Worn, w2: Worn, combined: Worn, w3: Worn)
    requires top.category == Top && outfit.category == Outfit && Spawnable(top) && Spawnable(outfit)
    requires WearStep(top, g, w0, w1) && WearStep(outfit, g, w1, w2)
    requires combined.equipped == w2.equipped && BreakStep(true, g, combined, w3)
    ensures Top !in w2.renderers && Outfit in w2.renderers
    ensures w2.equipped[Top] == top && w2.equipped[Outfit] == outfit
    ensures Top in w3.renderers && Outfit in w3.renderers
  {
    assert Top in Vacated(Outfit);
    assert w3.renderers.Keys == RespawnCategories(w2.equipped);
  }

  /** The hidden lists of the scenario's three items. */
  lemma ScenarioLookups(lookup: map<string, PartId>, torso: PartId, legs: PartId)
    requires lookup == map["Torso" := torso, "Legs" := legs]
    ensures LookupParts(lookup, []) == []
    ensures LookupParts(lookup, ["Torso"]) == [torso]
    ensures LookupParts(lookup, ["Torso", "Legs"]) == [torso, legs]
  {
    assert ["Torso"][..0] == [];
    assert ["Torso", "Legs"][..1] == ["Torso"];
  }

  /**
   * A Hair item that hides nothing, then an Outfit hiding "Torso" and "Legs",
   * then a Top hiding "Torso": the Outfit is gone, Hair and Top are worn,
   * "Legs" is shown again and "Torso" is hidden by the Top alone. The Outfit's
   * record is still kept.
   */
  lemma HairOutfitTopScenario(h1: ClothingRecord, o1: ClothingRecord, t1: ClothingRecord, g: Rigging,
                              torso: PartId, legs: PartId, w0: Worn, w1: Worn, w2: Worn, w3: Worn)
    requires h1.category == Hair && h1.bodyPartsToHideName == [] && Spawnable(h1)
    requires o1.category == Outfit && o1.bodyPartsToHideName == ["Torso", "Legs"] && Spawnable(o1)
    requires t1.category == Top && t1.bodyPartsToHideName == ["Torso"] && Spawnable(t1)
    requires g.lookup == map["Torso" := torso, "Legs" := legs] && torso != legs
    requires w0.renderers == map[] && w0.hair == map[] && w0.hidden == map[] && w0.equipped == map[]
    requires WearStep(h1, g, w0, w1) && WearStep(o1, g, w1, w2) && WearStep(t1, g, w2, w3)
    ensures w3.renderers.Keys == {Top} && w3.hair.Keys == {Hair}
    ensures w3.hidden == map[Hair := [], Top := [torso]]
    ensures legs in w3.parts && w3.parts[legs]
    ensures torso in w3.parts && !w3.parts[torso]
    ensures w3.equipped.Keys == {Hair, Outfit, Top} && w3.equipped[Outfit] == o1
  {
    ScenarioLookups(g.lookup, torso, legs);
    ScenarioHair(h1, g, w0, w1);
    ScenarioOutfit(o1, g, torso, legs, w1, w2);
    ScenarioTop(t1, g, torso, legs, w2, w3);
  }

  /** The scenario's first step: the Hair item is the hair prop and hides nothing. */
  lemma ScenarioHair(h1: ClothingRecord, g: Rigging, w0: Worn, w1: Worn)
    requires h1.category == Hair && h1.bodyPartsToHideName == [] && Spawnable(h1)
    requires w0.renderers == map[] && w0.hair == map[] && w0.hidden == map[] && w0.equipped == map[]
    requires WearStep(h1, g, w0, w1)
    ensures w1.renderers == map[] && w1.hair.Keys == {Hair} && w1.hidden == map[Hair := []]
    ensures w1.equipped == map[Hair := h1]
  {
    assert LookupParts(g.lookup, []) == [];
  }

  /** The scenario's second step: the Outfit is worn and hides both parts. */
  lemma ScenarioOutfit(o1: ClothingRecord, g: Rigging, torso: PartId, legs: PartId, w1: Worn, w2: Worn)
    requires o1.category == Outfit && o1.bodyPartsToHideName == ["Torso", "Legs"] && Spawnable(o1)
    requires LookupParts(g.lookup, ["Torso", "Legs"]) == [torso, legs]
    requires w1.renderers == map[] && w1.hair.Keys == {Hair} && w1.hidden == map[Hair := []]
    requires w1.equipped.Keys == {Hair}
    requires WearStep(o1, g, w1, w2)
    ensures w2.renderers.Keys == {Outfit} && w2.hair.Keys == {Hair}
    ensures w2.hidden == map[Hair := [], Outfit := [torso, legs]]
    ensures w2.equipped.Keys == {Hair, Outfit} && w2.equipped[Outfit] == o1
  {
    assert w1.hidden - Vacated(Outfit) == w1.hidden;
  }

  /** The scenario's last step: the Top evicts the Outfit, shows "Legs" again and hides "Torso". */
  lemma ScenarioTop(t1: ClothingRecord, g: Rigging, torso: PartId, legs: PartId, w2: Worn, w3: Worn)
    requires t1.category == Top && t1.bodyPartsToHideName == ["Torso"] && Spawnable(t1)
    requires LookupParts(g.lookup, ["Torso"]) == [torso] && torso != legs
    requires w2.renderers.Keys == {Outfit} && w2.hair.Keys == {Hair}
    requires w2.hidden == map[Hair := [], Outfit := [torso, legs]]
    requires w2.equipped.Keys == {Hair, Outfit}
    requires WearStep(t1, g, w2, w3)
    ensures w3.renderers.Keys == {Top} && w3.hair.Keys == {Hair}
    ensures w3.hidden == map[Hair := [], Top := [torso]]
    ensures legs in w3.parts && w3.parts[legs]
    ensures torso in w3.parts && !w3.parts[torso]
    ensures w3.equipped.Keys == {Hair, Outfit, Top} && w3.equipped[Outfit] == w2.equipped[Outfit]
  {
    assert w2.hidden - Vacated(Top) == map[Hair := []];
    ShowLegsHideTorso(w2.hidden, w2.parts, torso, legs, w3.parts);
  }

  /** Evicting the Outfit shows both its parts again, and the Top then hides "Torso". */
  lemma ShowLegsHideTorso(hidden: map<Category, seq<PartId>>, parts: map<PartId, bool>, torso: PartId, legs: PartId,
                          parts': map<PartId, bool>)
    requires hidden == map[Hair := [], Outfit := [torso, legs]] && torso != legs
    requires parts' == SetAll(SetAll(parts, PartsOf(hidden, Vacated(Top)), true), Elements([torso]), false)
    ensures legs in parts' && parts'[legs]
    ensures torso in parts' && !parts'[torso]
  {
    PartsOfMembers(hidden, Vacated(Top), legs);
    assert Outfit in Vacated(Top) && legs in hidden[Outfit];
    HideAfterRestore(parts, PartsOf(hidden, Vacated(Top)), [torso], legs);
    HideAfterRestore(parts, PartsOf(hidden, Vacated(Top)), [torso], torso);
  }
}
