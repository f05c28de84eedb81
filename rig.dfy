/**
 * The rig of one character model, as its binder component describes it: the
 * skeleton root, the head slot for props, the base body, the optional combined
 * renderer and the named body-part renderers.
 */
module Rig {
  import opened Wrappers
  import opened Clothing

  type ModelId = nat
  type SlotId = nat
  type PartId = nat

  datatype Gender = Male | Female

  /** The base body renderer: its bone array is the skeleton every clothing item is bound to. */
  datatype BaseBody = BaseBody(bones: seq<BoneId>)

  datatype BodyPartEntry = BodyPartEntry(partName: string, renderer: PartId)

  /** The mesh written into the combined renderer: its combine instances and bind poses. */
  datatype CombineInstance = CombineInstance(mesh: Mesh, subMeshIndex: nat)
  datatype CombinedMesh = CombinedMesh(instances: seq<CombineInstance>, bindposes: seq<BindposeId>)

  /**
   * The placeholder renderer of a model that receives the combined mesh. It is
   * a scene object, so the manager updates it in place.
   */
  class CombinedRenderer {
    var active: bool
    var sharedMesh: Option<CombinedMesh>
    var bones: seq<BoneId>
    var materials: seq<MaterialId>
    var updateWhenOffscreen: bool

    constructor (active: bool)
      ensures this.active == active && sharedMesh == None
      ensures bones == [] && materials == [] && !updateWhenOffscreen
    {
      this.active := active;
      sharedMesh := None;
      bones := [];
      materials := [];
      updateWhenOffscreen := false;
    }

    /** Shows a freshly combined mesh drawn with the given bones and materials. */
    method Show(mesh: CombinedMesh, bones: seq<BoneId>, materials: seq<MaterialId>)
      modifies this
      ensures sharedMesh == Some(mesh) && this.bones == bones && this.materials == materials
      ensures updateWhenOffscreen && active
    {
      sharedMesh := Some(mesh);
      this.bones := bones;
      this.materials := materials;
      updateWhenOffscreen := true;
      active := true;
    }

    /** Clears the mesh so nothing is drawn and hides the renderer. */
    method Clear()
      modifies this`sharedMesh, this`active
      ensures sharedMesh == None && !active
    {
      sharedMesh := None;
      active := false;
    }
  }

  datatype Binder = Binder(
    gender: Gender,
    rootBone: BoneId,
    headAccessoriesSlot: SlotId,
    baseBodyRenderer: BaseBody,
    combinedMeshRenderer: CombinedRenderer?,
    bodyParts: seq<BodyPartEntry>)

  /** A character model; `binder` is None when the model lacks the binder component. */
  datatype Model = Model(id: ModelId, binder: Option<Binder>)

  /** No two entries share a name (building the lookup throws otherwise). */
  predicate UniquePartNames(parts: seq<BodyPartEntry>) {
    forall i, j :: 0 <= i < j < |parts| ==> parts[i].partName != parts[j].partName
  }

  /** The names of the entries. */
  function PartNames(parts: seq<BodyPartEntry>): set<string> {
    set e | e in parts :: e.partName
  }

  /** The name-to-renderer dictionary built from the binder's body-part entries. */
  function PartLookup(parts: seq<BodyPartEntry>): (lookup: map<string, PartId>)
    requires UniquePartNames(parts)
    ensures lookup.Keys == PartNames(parts)
  {
    if parts == [] then map[]
    else
      var init, last := parts[..|parts| - 1], parts[|parts| - 1];
      assert forall i :: 0 <= i < |init| ==> init[i] == parts[i];
      assert parts == init + [last];
      PartLookup(init)[last.partName := last.renderer]
  }

  /** Looking up an entry's name yields that entry's renderer. */
  lemma {:induction false} PartLookupFinds(parts: seq<BodyPartEntry>, i: nat)
    requires UniquePartNames(parts) && i < |parts|
    ensures PartLookup(parts)[parts[i].partName] == parts[i].renderer
  {
    var init, last := parts[..|parts| - 1], parts[|parts| - 1];
    if i < |parts| - 1 {
      assert init[i] == parts[i];
      assert UniquePartNames(init);
      PartLookupFinds(init, i);
    }
  }
}
